/** Each kernel step keeps the partition of the processes, their statuses, the
    reasons for waiting and the timers. */
module ProcessProofs {
  import opened Lists
  import opened KernelState
  import opened ProcessInvariants
  import opened KernelInvariants

  lemma ConservedPartition(s: State, s': State)
    requires Partition(s) && Conserved(s, s')
    ensures Partition(s')
  {
    forall a: Addr ensures Places(s', a) == One(a < |s'.pcbs|) {
      assert Places(s', a) == Places(s, a) == One(a < |s.pcbs|);
    }
  }

  lemma TailSubset(s: seq<Addr>)
    requires s != []
    ensures forall a :: a in s[1..] ==> a in s
  {
  }

  // ----- Statuses -----

  lemma SwitchStatus(s: State)
    requires Partition(s) && StatusOk(s) && s.ready != []
    ensures StatusOk(RunFirst(Suspend(s)))
  {
    Exclusives(s);
    TailSubset(s.ready);
    assert s.ready[0] in s.ready;
  }

  lemma WakeStatus(s: State, a: Addr, ready: seq<Addr>)
    requires Partition(s) && StatusOk(s) && a in s.waiting
    requires forall b :: b in ready ==> b in s.ready || b == a
    ensures StatusOk(Wake(s, a).(ready := ready))
  {
    Exclusives(s);
    Exclusive(s, a);
    forall b | b in Detach(s.waiting, a) ensures b in s.waiting && b != a {
      OccDetach(s.waiting, a, b);
      OccIn(Detach(s.waiting, a), b);
    }
  }

  lemma WakeFirstStatus(s: State, prev: Option<Addr>)
    requires Partition(s) && StatusOk(s)
    requires s.timers != [] && s.timers[0].pcb in s.waiting
    ensures StatusOk(WakeFirst(s, prev))
  {
    var a := s.timers[0].pcb;
    forall b | b in InsertAfter(s.ready, prev, a) ensures b in s.ready || b == a {
      OccInsert(s.ready, prev, a, b);
    }
    WakeStatus(s, a, InsertAfter(s.ready, prev, a));
  }

  lemma RotateStatus(s: State)
    requires Partition(s) && StatusOk(s)
    ensures StatusOk(Rotate(s))
  {
    Exclusives(s);
    if s.ready != [] {
      TailSubset(s.ready);
      Exclusive(s, s.ready[0]);
      OccTail(s.ready, s.ready[0]);
      OccIn(s.ready[1..], s.ready[0]);
    }
  }

  lemma SpawnStatus(s: State)
    requires Partition(s) && StatusOk(s) && s.freePcbs != [] && s.freePcbPtrs != 0
    ensures StatusOk(DoSpawn(s))
  {
    Exclusives(s);
    TailSubset(s.freePcbs);
    Exclusive(s, s.freePcbs[0]);
    OccTail(s.freePcbs, s.freePcbs[0]);
    OccIn(s.freePcbs[1..], s.freePcbs[0]);
  }

  lemma ReapStatus(s: State, kid: Addr, result: int)
    requires Partition(s) && StatusOk(s) && kid in s.zombies
    ensures StatusOk(Reap(s, kid, result))
  {
    Exclusives(s);
    forall b | b in Detach(s.zombies, kid) ensures b in s.zombies {
      OccDetach(s.zombies, kid, b);
    }
  }

  lemma DieStatus(s: State, value: int, a: Addr)
    requires s.running < |s.pcbs|
    ensures At(Die(s, value).pcbs, a).status == if a == s.running then Zombie else At(s.pcbs, a).status
  {
  }

  lemma StartFirstStatus(s: State, value: int)
    requires Partition(s) && StatusOk(s) && s.ready != []
    ensures StatusOk(StartFirst(Die(s, value)))
  {
    Exclusives(s);
    TailSubset(s.ready);
    Exclusive(s, s.ready[0]);
    OccTail(s.ready, s.ready[0]);
    OccIn(s.ready[1..], s.ready[0]);
    forall a: Addr ensures At(Die(s, value).pcbs, a).status == if a == s.running then Zombie else At(s.pcbs, a).status {
      DieStatus(s, value, a);
    }
  }

  lemma HandOverStatus(s: State, value: int, p: Addr)
    requires Partition(s) && StatusOk(s) && p in s.waiting
    ensures HandOver(Die(s, value), p).mode == Fault || StatusOk(HandOver(Die(s, value), p))
  {
    var dead := Die(s, value);
    Exclusives(s);
    Exclusive(s, p);
    forall a: Addr ensures At(dead.pcbs, a).status == if a == s.running then Zombie else At(s.pcbs, a).status {
      DieStatus(s, value, a);
    }
    forall b | b in Detach(s.waiting, p) ensures b in s.waiting && b != p {
      OccDetach(s.waiting, p, b);
      OccIn(Detach(s.waiting, p), b);
    }
    forall b | b in Detach(s.zombies + [s.running], s.running) ensures b in s.zombies || b == s.running {
      OccDetach(s.zombies + [s.running], s.running, b);
    }
  }

  // ----- Timers and reasons -----

  /** A new timer goes after all that are not later and before all that are. */
  lemma {:induction false} InsertTimerSplits(ts: seq<Timer>, t: Timer) returns (k: nat)
    requires Sorted(ts)
    ensures k <= |ts| && InsertTimer(ts, t) == ts[..k] + [t] + ts[k..]
    ensures forall i :: 0 <= i < k ==> ts[i].time <= t.time
    ensures forall i :: k <= i < |ts| ==> t.time < ts[i].time
  {
    if ts == [] || t.time < ts[0].time {
      k := 0;
    } else {
      var rest := InsertTimerSplits(ts[1..], t);
      k := rest + 1;
      assert ts[..k] == [ts[0]] + ts[1..][..rest];
      assert ts[k..] == ts[1..][rest..];
    }
  }

  lemma InsertTimerSorted(ts: seq<Timer>, t: Timer)
    requires Sorted(ts)
    ensures Sorted(InsertTimer(ts, t))
  {
    var k := InsertTimerSplits(ts, t);
    var after := InsertTimer(ts, t);
    forall i, j | 0 <= i < j < |after| ensures after[i].time <= after[j].time {
      assert i != k ==> after[i] == ts[if i < k then i else i - 1];
      assert j != k ==> after[j] == ts[if j < k then j else j - 1];
    }
  }

  lemma {:induction false} InsertTimerOcc(ts: seq<Timer>, t: Timer, a: Addr)
    ensures Occ(TimerPcbs(InsertTimer(ts, t)), a) == Occ(TimerPcbs(ts), a) + One(t.pcb == a)
  {
    if ts == [] || t.time < ts[0].time {
      assert ([t] + ts)[1..] == ts;
    } else {
      InsertTimerOcc(ts[1..], t, a);
      assert ([ts[0]] + InsertTimer(ts[1..], t))[1..] == InsertTimer(ts[1..], t);
    }
  }

  lemma {:induction false} NothingDropped(ts: seq<Timer>, a: Addr)
    requires Occ(TimerPcbs(ts), a) == 0
    ensures DropTimers(ts, a) == ts
  {
    if ts != [] {
      OccPush(ts[0].pcb, TimerPcbs(ts[1..]), a);
      NothingDropped(ts[1..], a);
    }
  }

  lemma TimersFrame(s: State, s': State)
    requires TimersOk(s) && s'.timers == s.timers
    requires forall a: Addr :: Asleep(s', a) == Asleep(s, a)
    ensures TimersOk(s')
  {
    forall a: Addr ensures Occ(TimerPcbs(s'.timers), a) == One(Asleep(s', a)) {
      assert Occ(TimerPcbs(s.timers), a) == One(Asleep(s, a));
    }
  }

  /** The process of the first timer is asleep, and so in the waiting list. */
  lemma FirstTimerAsleep(s: State)
    requires TimersOk(s) && s.timers != []
    ensures Asleep(s, s.timers[0].pcb)
  {
    OccPush(s.timers[0].pcb, TimerPcbs(s.timers[1..]), s.timers[0].pcb);
    assert Occ(TimerPcbs(s.timers), s.timers[0].pcb) == One(Asleep(s, s.timers[0].pcb));
  }

  lemma SortedTail(ts: seq<Timer>)
    requires Sorted(ts) && ts != []
    ensures Sorted(ts[1..])
  {
  }

  /** What waking the first sleeper means for one process. */
  lemma WakeFirstOne(s: State, prev: Option<Addr>, a: Addr)
    requires Partition(s) && TimersOk(s) && s.timers != []
    ensures a in WakeFirst(s, prev).waiting <==> a in s.waiting && a != s.timers[0].pcb
    ensures Occ(TimerPcbs(s.timers[1..]), a) == One(Asleep(s, a)) - One(s.timers[0].pcb == a)
    ensures Asleep(s, s.timers[0].pcb)
  {
    var x := s.timers[0].pcb;
    FirstTimerAsleep(s);
    Exclusive(s, x);
    OccDetach(s.waiting, x, a);
    OccIn(Detach(s.waiting, x), a);
    OccIn(s.waiting, a);
    OccPush(x, TimerPcbs(s.timers[1..]), a);
    assert Occ(TimerPcbs(s.timers), a) == One(Asleep(s, a));
  }

  lemma WakeFirstTimers(s: State, prev: Option<Addr>)
    requires Partition(s) && ReasonOk(s) && TimersOk(s) && s.timers != []
    ensures ReasonOk(WakeFirst(s, prev)) && TimersOk(WakeFirst(s, prev))
  {
    var s' := WakeFirst(s, prev);
    assert Sorted(s'.timers) by { SortedTail(s.timers); }
    forall a: Addr
      ensures a in s'.waiting <==> a in s.waiting && a != s.timers[0].pcb
      ensures Occ(TimerPcbs(s'.timers), a) == One(Asleep(s', a))
    {
      WakeFirstOne(s, prev, a);
    }
  }

  lemma RotateTimers(s: State)
    requires ReasonOk(s) && TimersOk(s)
    ensures ReasonOk(Rotate(s)) && TimersOk(Rotate(s))
  {
    TimersFrame(s, Rotate(s));
  }

  /** Blocking for another reason than sleep. */
  lemma SwitchTimers(s: State)
    requires ReasonOk(s) && TimersOk(s) && s.ready != [] && s.running !in s.waiting
    requires Me(s).call.SemWait? || Me(s).call.Wait?
    ensures ReasonOk(RunFirst(Suspend(s))) && TimersOk(RunFirst(Suspend(s)))
  {
    TimersFrame(s, RunFirst(Suspend(s)));
  }

  ghost predicate CanSleep(s: State) {
    s.ready != [] && s.running !in s.waiting && s.freeTimers > 0 && Me(s).call.Sleep? && s.running < |s.pcbs|
  }

  lemma SleepWaiters(s: State, cycles: int, a: Addr)
    requires CanSleep(s)
    ensures CallOf(DoSleep(s, cycles), a) == CallOf(s, a)
    ensures a in DoSleep(s, cycles).waiting <==> a in s.waiting || a == s.running
  {
  }

  /** What a new timer for the running process, now waiting, means for one process. */
  lemma SleepOne(s: State, s': State, t: Timer, a: Addr)
    requires s'.timers == InsertTimer(s.timers, t) && t.pcb == s.running && s.running !in s.waiting && Me(s).call.Sleep?
    requires a in s'.waiting <==> a in s.waiting || a == s.running
    requires CallOf(s', a) == CallOf(s, a)
    requires Occ(TimerPcbs(s.timers), a) == One(Asleep(s, a))
    ensures Occ(TimerPcbs(s'.timers), a) == One(Asleep(s', a))
  {
    InsertTimerOcc(s.timers, t, a);
  }

  lemma SleepTimers(s: State, cycles: int)
    requires ReasonOk(s) && TimersOk(s) && CanSleep(s)
    ensures ReasonOk(DoSleep(s, cycles)) && TimersOk(DoSleep(s, cycles))
  {
    var t := Timer(s.time + cycles, s.running);
    var s' := DoSleep(s, cycles);
    assert s'.timers == InsertTimer(s.timers, t);
    assert Sorted(s'.timers) by { InsertTimerSorted(s.timers, t); }
    forall a: Addr
      ensures a in s'.waiting ==> CallOf(s', a).Sleep? || CallOf(s', a).SemWait? || CallOf(s', a).Wait?
      ensures Occ(TimerPcbs(s'.timers), a) == One(Asleep(s', a))
    {
      SleepWaiters(s, cycles, a);
      assert Occ(TimerPcbs(s.timers), a) == One(Asleep(s, a));
      SleepOne(s, s', t, a);
    }
  }

  /** A process leaves the waiting list for another reason than its timer. */
  lemma WakeTimers(s: State, a: Addr, ready: seq<Addr>)
    requires Partition(s) && ReasonOk(s) && TimersOk(s) && a in s.waiting && !CallOf(s, a).Sleep?
    ensures ReasonOk(Wake(s, a).(ready := ready)) && TimersOk(Wake(s, a).(ready := ready))
  {
    var s' := Wake(s, a).(ready := ready);
    Exclusive(s, a);
    forall b: Addr ensures b in s'.waiting <==> b in s.waiting && b != a {
      OccDetach(s.waiting, a, b);
      OccIn(s'.waiting, b);
      OccIn(s.waiting, b);
    }
    TimersFrame(s, s');
  }

  lemma SpawnTimers(s: State)
    requires Partition(s) && ReasonOk(s) && TimersOk(s) && s.freePcbs != [] && s.freePcbPtrs != 0
    ensures ReasonOk(DoSpawn(s)) && TimersOk(DoSpawn(s))
  {
    Exclusives(s);
    TimersFrame(s, DoSpawn(s));
  }

  lemma ReapTimers(s: State, kid: Addr, result: int)
    requires ReasonOk(s) && TimersOk(s)
    ensures ReasonOk(Reap(s, kid, result)) && TimersOk(Reap(s, kid, result))
  {
    TimersFrame(s, Reap(s, kid, result));
  }

  lemma StartFirstTimers(s: State, value: int)
    requires ReasonOk(s) && TimersOk(s) && s.ready != []
    ensures ReasonOk(StartFirst(Die(s, value))) && TimersOk(StartFirst(Die(s, value)))
  {
    TimersFrame(s, StartFirst(Die(s, value)));
  }

  lemma HandOverTimers(s: State, value: int, p: Addr)
    requires Partition(s) && ReasonOk(s) && TimersOk(s)
    requires p in s.waiting && CallOf(s, p).Wait?
    requires HandOver(Die(s, value), p).mode != Fault
    ensures HandOver(Die(s, value), p).timers == s.timers
    ensures ReasonOk(HandOver(Die(s, value), p)) && TimersOk(HandOver(Die(s, value), p))
  {
    var s' := HandOver(Die(s, value), p);
    Exclusive(s, s.running);
    Exclusive(s, p);
    assert Occ(TimerPcbs(s.timers), s.running) == One(Asleep(s, s.running));
    NothingDropped(s.timers, s.running);
    forall b: Addr ensures b in s'.waiting <==> b in s.waiting && b != p {
      OccDetach(s.waiting, p, b);
      OccIn(s'.waiting, b);
      OccIn(s.waiting, b);
    }
    TimersFrame(s, s');
  }

  /** Fields of the running process other than its status may change freely. */
  lemma LocalChange(s: State, p: Pcb, t: SemTable)
    requires ProcessesOk(s) && p.status == Me(s).status
    ensures ProcessesOk(s.(pcbs := Put(s.pcbs, s.running, p), table := t))
  {
    var s' := s.(pcbs := Put(s.pcbs, s.running, p), table := t);
    Exclusives(s);
    ConservedPartition(s, s');
    TimersFrame(s, s');
  }
}
