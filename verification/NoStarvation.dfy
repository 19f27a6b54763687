/** Exact timer wake-up, and the bound on how long a ready process waits. */
module NoStarvation {
  import opened Lists
  import opened KernelState
  import opened ProcessInvariants
  import opened KernelInvariants
  import opened ProcessProofs
  import opened SemaphoreProofs
  import opened KernelSteps

  // ----- Exact wake-up -----

  /** How many timers at the head of the list have elapsed. */
  function Elapsed(ts: seq<Timer>, now: int): nat {
    if ts == [] || ts[0].time > now then 0 else 1 + Elapsed(ts[1..], now)
  }

  /** In a sorted list those are all the timers that have elapsed. */
  lemma {:induction false} ElapsedExactly(ts: seq<Timer>, now: int)
    requires Sorted(ts)
    ensures Elapsed(ts, now) <= |ts|
    ensures forall i :: 0 <= i < |ts| ==> (ts[i].time <= now <==> i < Elapsed(ts, now))
  {
    if ts != [] && ts[0].time <= now {
      ElapsedExactly(ts[1..], now);
      assert forall i :: 0 < i < |ts| ==> ts[i] == ts[1..][i - 1];
    }
  }

  lemma {:induction false} ElapsedPrefix(ts: seq<Timer>, now: int)
    ensures Elapsed(ts, now) <= |ts|
    ensures Elapsed(ts, now) == 0 <==> ts == [] || ts[0].time > now
  {
    if ts != [] && ts[0].time <= now {
      ElapsedPrefix(ts[1..], now);
    }
  }

  /** The processes woken, in timer order. */
  function Woken(ts: seq<Timer>, now: int): seq<Addr> {
    if ts == [] || ts[0].time > now then [] else [ts[0].pcb] + Woken(ts[1..], now)
  }

  lemma {:induction false} WokenAre(ts: seq<Timer>, now: int)
    ensures Elapsed(ts, now) <= |ts| && Woken(ts, now) == TimerPcbs(ts[..Elapsed(ts, now)])
    ensures |Woken(ts, now)| == Elapsed(ts, now)
  {
    ElapsedPrefix(ts, now);
    if ts != [] && ts[0].time <= now {
      WokenAre(ts[1..], now);
      assert ts[..Elapsed(ts, now)][1..] == ts[1..][..Elapsed(ts[1..], now)];
    }
  }

  lemma {:induction false} WokenHaveTimers(ts: seq<Timer>, now: int, a: Addr)
    ensures a in Woken(ts, now) ==> a in TimerPcbs(ts)
  {
    if ts != [] {
      WokenHaveTimers(ts[1..], now, a);
    }
  }

  /** The loop inserts each woken process right after the one woken before it. */
  lemma {:induction false} WakeLoopFrom(s: State, done: seq<Addr>, rest0: seq<Addr>)
    requires Inv(s) && s.ready == done + rest0
    ensures var s' := WakeLoop(s, if done == [] then None else Some(done[|done| - 1]));
            && s'.ready == done + Woken(s.timers, s.time) + rest0
            && Elapsed(s.timers, s.time) <= |s.timers| && s'.timers == s.timers[Elapsed(s.timers, s.time)..]
            && s'.running == s.running && s'.time == s.time
    decreases |s.timers|
  {
    var prev := if done == [] then None else Some(done[|done| - 1]);
    ElapsedPrefix(s.timers, s.time);
    if s.timers != [] && s.timers[0].time <= s.time {
      var x := s.timers[0].pcb;
      var s1 := WakeFirst(s, prev);
      assert s1.ready == done + [x] + rest0 by { InsertAtEnd(s, done, rest0, x); }
      assert Inv(s1) by { WakeFirstKeeps(s, prev); }
      WakeLoopFrom(s1, done + [x], rest0);
      WokenNext(s.timers, s.time, done);
      assert WakeLoop(s, prev) == WakeLoop(s1, Some(x));
    } else {
      assert done + [] + rest0 == done + rest0;
    }
  }

  lemma WokenNext(ts: seq<Timer>, now: int, done: seq<Addr>)
    requires ts != [] && ts[0].time <= now
    ensures done + Woken(ts, now) == (done + [ts[0].pcb]) + Woken(ts[1..], now)
    ensures Elapsed(ts[1..], now) <= |ts[1..]| && Elapsed(ts, now) <= |ts|
    ensures ts[Elapsed(ts, now)..] == ts[1..][Elapsed(ts[1..], now)..]
  {
    ElapsedPrefix(ts[1..], now);
  }

  lemma InsertAtEnd(s: State, done: seq<Addr>, rest0: seq<Addr>, x: Addr)
    requires Partition(s) && s.ready == done + rest0
    ensures InsertAfter(s.ready, if done == [] then None else Some(done[|done| - 1]), x) == done + [x] + rest0
  {
    if done != [] {
      var p := done[|done| - 1];
      var u := done[..|done| - 1];
      assert s.ready == u + [p] + rest0;
      assert p in s.ready;
      Exclusive(s, p);
      OccSplit(u, p, rest0);
      OccIn(u, p);
      InsertAfterSplits(u, p, rest0, x);
      assert u + [p, x] + rest0 == done + [x] + rest0;
    } else {
      assert [x] + s.ready == done + [x] + rest0;
    }
  }

  lemma OccSplit(u: seq<Addr>, p: Addr, v: seq<Addr>)
    ensures Occ(u + [p] + v, p) == Occ(u, p) + 1 + Occ(v, p)
  {
  }

  /** One scheduling wakes exactly the timers that have elapsed: their processes
      go, in timer order, in front of those that were ready; the first of all
      these runs and the process that was running goes last. */
  lemma ScheduleExact(s: State)
    requires Inv(s)
    ensures Elapsed(s.timers, s.time) <= |s.timers|
    ensures forall i :: 0 <= i < |s.timers| ==> (s.timers[i].time <= s.time <==> i < Elapsed(s.timers, s.time))
    ensures var queue := TimerPcbs(s.timers[..Elapsed(s.timers, s.time)]) + s.ready;
            && Schedule(s).timers == s.timers[Elapsed(s.timers, s.time)..]
            && [Schedule(s).running] + Schedule(s).ready == if queue == [] then [s.running] else queue + [s.running]
  {
    ElapsedExactly(s.timers, s.time);
    WokenAre(s.timers, s.time);
    assert s.ready == [] + s.ready;
    WakeLoopFrom(s, [], s.ready);
    assert [] + Woken(s.timers, s.time) == Woken(s.timers, s.time);
    var queue := Woken(s.timers, s.time) + s.ready;
    if queue != [] {
      assert [queue[0]] + (queue[1..] + [s.running]) == queue + [s.running];
    }
  }

  // ----- No starvation -----

  function IndexOf(q: seq<Addr>, p: Addr): nat
    requires p in q
  {
    if q[0] == p then 0 else 1 + IndexOf(q[1..], p)
  }

  /** How many more scheduler turns the ready process `p` can be made to wait. */
  function Potential(s: State, p: Addr): nat
    requires p in s.ready
  {
    IndexOf(s.ready, p) + |s.timers|
  }

  lemma {:induction false} IndexAppend(q: seq<Addr>, x: Addr, p: Addr)
    requires p in q
    ensures IndexOf(q + [x], p) == IndexOf(q, p) < |q|
  {
    if q[0] != p {
      assert (q + [x])[1..] == q[1..] + [x];
      IndexAppend(q[1..], x, p);
    }
  }

  lemma {:induction false} IndexPrepend(u: seq<Addr>, q: seq<Addr>, p: Addr)
    requires p in q && p !in u
    ensures IndexOf(u + q, p) == |u| + IndexOf(q, p)
  {
    if u == [] {
      assert u + q == q;
    } else {
      assert (u + q)[1..] == u[1..] + q;
      IndexPrepend(u[1..], q, p);
    }
  }

  lemma {:induction false} InsertTimerLength(ts: seq<Timer>, t: Timer)
    ensures |InsertTimer(ts, t)| == |ts| + 1
  {
    if ts != [] && t.time >= ts[0].time {
      InsertTimerLength(ts[1..], t);
    }
  }

  /** The process runs, or is still ready and at most `bound` turns away. */
  ghost predicate Nearer(s: State, p: Addr, bound: int) {
    s.running == p || (p in s.ready && Potential(s, p) <= bound)
  }

  /** A turn of the scheduler brings every ready process one turn nearer. */
  lemma ScheduleNearer(s: State, p: Addr)
    requires Inv(s) && p in s.ready
    ensures Nearer(Schedule(s), p, Potential(s, p) - 1)
  {
    var s' := Schedule(s);
    WokenNotReady(s, p);
    WokenAre(s.timers, s.time);
    var woken := TimerPcbs(s.timers[..Elapsed(s.timers, s.time)]);
    ScheduleExact(s);
    IndexPrepend(woken, s.ready, p);
    RotateNearer(woken + s.ready, s.running, s'.running, s'.ready, p);
  }

  lemma RotateNearer(queue: seq<Addr>, before: Addr, running: Addr, ready: seq<Addr>, p: Addr)
    requires p in queue && [running] + ready == queue + [before]
    ensures running == p || (p in ready && IndexOf(ready, p) == IndexOf(queue, p) - 1)
  {
    assert ready == ([running] + ready)[1..] == queue[1..] + [before];
    assert running == ([running] + ready)[0] == queue[0];
    if queue[0] != p {
      RunFirstNearer(queue, p);
      IndexAppend(queue[1..], before, p);
    }
  }

  lemma {:induction false} TimerPcbsPrefix(ts: seq<Timer>, k: nat, a: Addr)
    requires k <= |ts|
    ensures a in TimerPcbs(ts[..k]) ==> a in TimerPcbs(ts)
  {
    if k > 0 {
      assert ts[..k][1..] == ts[1..][..k - 1];
      TimerPcbsPrefix(ts[1..], k - 1, a);
    }
  }

  /** A process that is ready has no timer. */
  lemma WokenNotReady(s: State, p: Addr)
    requires Partition(s) && TimersOk(s) && p in s.ready
    ensures Elapsed(s.timers, s.time) <= |s.timers| && p !in TimerPcbs(s.timers[..Elapsed(s.timers, s.time)])
  {
    ElapsedPrefix(s.timers, s.time);
    Exclusive(s, p);
    assert Occ(TimerPcbs(s.timers), p) == One(Asleep(s, p));
    OccIn(TimerPcbs(s.timers), p);
    TimerPcbsPrefix(s.timers, Elapsed(s.timers, s.time), p);
  }

  /** Taking the first ready process off brings the others nearer. */
  lemma RunFirstNearer(ready: seq<Addr>, p: Addr)
    requires p in ready && ready[0] != p
    ensures p in ready[1..] && IndexOf(ready[1..], p) == IndexOf(ready, p) - 1
  {
  }

  /** No step moves a ready process back, and every turn of the scheduler moves
      it on; it stops being ready only by running. */
  lemma StepNearer(s: State, l: Label, p: Addr)
    requires Inv(s) && p in s.ready && Step(s, l).mode == Active
    ensures Nearer(Step(s, l), p, Potential(s, p) - One(l == Tick || l == Trap(Preempt)))
  {
    match l {
      case Tick =>
        TimeAside(s);
        ScheduleNearer(s.(time := s.time + 1), p);
      case Trap(call) =>
        RecordKeeps(s, call);
        CallNearer(s, Record(s, call), call, p);
    }
  }

  lemma CallNearer(s0: State, s: State, call: Call, p: Addr)
    requires Inv(s) && p in s.ready && s.ready == s0.ready && s.timers == s0.timers
    requires Dispatch(s, call).mode == Active
    ensures Nearer(Dispatch(s, call), p, Potential(s0, p) - One(call == Preempt))
  {
    match call {
      case Preempt => ScheduleNearer(s, p);
      case Fork => SpawnNearer(s, p);
      case Spawn => SpawnNearer(s, p);
      case Exit(value) => ExitNearer(s, value, p);
      case SemPost(fd) => PostNearer(s, fd, p);
      case _ => SwitchNearer(s, call, p);
    }
  }

  /** Calls that leave the ready list alone or take its first process off. */
  lemma SwitchNearer(s: State, call: Call, p: Addr)
    requires p in s.ready && Dispatch(s, call).mode == Active
    requires call.NoCall? || call.Wait? || call.Sleep? || call.SemOpen? || call.SemClose? || call.SemWait?
    ensures Nearer(Dispatch(s, call), p, Potential(s, p))
  {
    if s.ready[0] != p {
      RunFirstNearer(s.ready, p);
    }
    if call.Sleep? {
      InsertTimerLength(s.timers, Timer(s.time + call.cycles, s.running));
    }
  }

  lemma SpawnNearer(s: State, p: Addr)
    requires p in s.ready && DoSpawn(s).mode == Active
    ensures Nearer(DoSpawn(s), p, Potential(s, p))
  {
    if s.freePcbs != [] {
      IndexAppend(s.ready, s.freePcbs[0], p);
    }
  }

  lemma PostNearer(s: State, fd: int, p: Addr)
    requires p in s.ready
    ensures Nearer(DoSemPost(s, fd), p, Potential(s, p))
  {
    if ByFd(s.table, Me(s).semDescs, fd).Some? {
      var sem := SemAt(s.table, DescAt(s.table, ByFd(s.table, Me(s).semDescs, fd).value).sem);
      if sem.waiting != [] {
        IndexAppend(s.ready, DescAt(s.table, sem.waiting[0]).pcb, p);
      }
    }
  }

  lemma {:induction false} DropTimersShorter(ts: seq<Timer>, a: Addr)
    ensures |DropTimers(ts, a)| <= |ts|
  {
    if ts != [] {
      DropTimersShorter(ts[1..], a);
    }
  }

  lemma ExitNearer(s: State, value: int, p: Addr)
    requires p in s.ready && DoExit(s, value).mode == Active
    ensures Nearer(DoExit(s, value), p, Potential(s, p))
  {
    DropTimersShorter(s.timers, s.running);
    if s.ready[0] != p {
      RunFirstNearer(s.ready, p);
    }
  }

  function Turns(labels: seq<Label>): nat {
    if labels == [] then 0 else One(labels[0] == Tick || labels[0] == Trap(Preempt)) + Turns(labels[1..])
  }

  /** In any run with more scheduler turns than its potential, a ready process
      gets to run, whatever the processes do in between. */
  lemma {:induction false} RunsWithinPotential(s: State, labels: seq<Label>, p: Addr) returns (k: nat)
    requires Inv(s) && p in s.ready && Run(s, labels).mode == Active
    requires Turns(labels) > Potential(s, p)
    ensures k <= |labels| && Run(s, labels[..k]).running == p
    decreases |labels|
  {
    var s' := Step(s, labels[0]);
    if s'.mode != Active {
      HaltedRun(s', labels[1..]);
    }
    StepKeeps(s, labels[0]);
    StepNearer(s, labels[0], p);
    if s'.running == p {
      k := 1;
      assert labels[..1][1..] == [];
    } else {
      var rest := RunsWithinPotential(s', labels[1..], p);
      k := rest + 1;
      assert labels[..k][1..] == labels[1..][..rest];
    }
  }

  /** Live processes: the running one, the ready ones and the waiting ones. */
  function LiveCount(s: State): nat { 1 + |s.ready| + |s.waiting| }

  lemma {:induction false} TimerPcbsLength(ts: seq<Timer>)
    ensures |TimerPcbs(ts)| == |ts|
  {
    if ts != [] {
      TimerPcbsLength(ts[1..]);
    }
  }

  lemma Fewer(u: seq<Addr>, v: seq<Addr>)
    requires forall a: Addr :: Occ(u, a) <= Occ(v, a)
    ensures |u| <= |v|
  {
    forall a: Addr ensures multiset(u)[a] <= multiset(v)[a] {
      assert Occ(u, a) <= Occ(v, a);
    }
    assert multiset(u) <= multiset(v);
    assert multiset(v) == multiset(u) + (multiset(v) - multiset(u));
    assert |multiset(u)| == |u| && |multiset(v)| == |v|;
  }

  /** Only waiting processes have timers. */
  lemma TimersAreFew(s: State)
    requires Partition(s) && TimersOk(s)
    ensures |s.timers| <= |s.waiting|
  {
    forall a: Addr ensures Occ(TimerPcbs(s.timers), a) <= Occ(s.waiting, a) {
      assert Occ(TimerPcbs(s.timers), a) == One(Asleep(s, a));
      OccIn(s.waiting, a);
    }
    Fewer(TimerPcbs(s.timers), s.waiting);
    TimerPcbsLength(s.timers);
  }

  lemma {:induction false} IndexInside(q: seq<Addr>, p: Addr)
    requires p in q
    ensures IndexOf(q, p) < |q|
  {
    if q[0] != p {
      IndexInside(q[1..], p);
    }
  }

  /** No starvation: a ready process runs before the scheduler has taken as many
      turns as there are live processes. */
  lemma NoStarvation(s: State, labels: seq<Label>, p: Addr)
    requires Inv(s) && p in s.ready && Run(s, labels).mode == Active
    requires Turns(labels) >= LiveCount(s) - 1
    ensures exists k :: 0 <= k <= |labels| && Run(s, labels[..k]).running == p
  {
    TimersAreFew(s);
    IndexInside(s.ready, p);
    var k := RunsWithinPotential(s, labels, p);
  }
}
