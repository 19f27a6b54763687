/** Whom scheduling wakes and when sleepers wake, over steps and whole runs; and
    what the handlers of the semaphore calls return and whom they block. */
module CallTheorems {
  import opened Lists
  import opened KernelState
  import opened ProcessInvariants
  import opened KernelInvariants
  import opened ProcessProofs
  import opened SemaphoreProofs
  import opened KernelSteps
  import opened NoStarvation
  import opened ProcessTheorems
  import opened SemaphoreTheorems
  import opened DescriptorTheorems
  import CS = CountingSemaphore

  // ----- Scheduling and sleep -----

  /** The processes with elapsed timers. */
  function Due(s: State): seq<Addr> { Woken(s.timers, s.time) }

  /** Scheduling takes from the waiting list the processes that are due, and no
      others. */
  lemma ScheduleWakes(s: State, a: Addr)
    requires Inv(s)
    ensures a in Schedule(s).waiting <==> a in s.waiting && a !in Due(s)
  {
    var s' := Schedule(s);
    ScheduleKeeps(s);
    QuietSchedule(s);
    SameLive(s, s');
    Exclusive(s, a);
    Exclusive(s', a);
    ScheduleExact(s);
    WokenAre(s.timers, s.time);
    DueWait(s, a);
    assert a in [s'.running] + s'.ready <==> a == s'.running || a in s'.ready;
  }

  lemma DueWait(s: State, a: Addr)
    requires TimersOk(s)
    ensures a in Due(s) ==> a in s.waiting
  {
    WokenAre(s.timers, s.time);
    TimerPcbsPrefix(s.timers, Elapsed(s.timers, s.time), a);
    assert Occ(TimerPcbs(s.timers), a) == One(Asleep(s, a));
    OccIn(TimerPcbs(s.timers), a);
  }

  lemma {:induction false} TimerOf(ts: seq<Timer>, t: Timer)
    requires t in ts
    ensures t.pcb in TimerPcbs(ts)
  {
    if ts[0] != t {
      assert t in ts[1..];
      TimerOf(ts[1..], t);
    }
  }

  /** A timer is either among the first that have elapsed or still to come. */
  lemma TimerKept(ts: seq<Timer>, now: int, t: Timer)
    requires Sorted(ts) && t in ts
    ensures Elapsed(ts, now) <= |ts|
    ensures t.time <= now ==> t in ts[..Elapsed(ts, now)]
    ensures t.time > now ==> t in ts[Elapsed(ts, now)..]
  {
    ElapsedExactly(ts, now);
    var i :| 0 <= i < |ts| && ts[i] == t;
    var k := Elapsed(ts, now);
    if i < k {
      assert ts[..k][i] == t;
    } else {
      assert ts[k..][i - k] == t;
    }
  }

  /** A sleeper is woken by the first scheduling at or after its time, and until
      then it sleeps on. */
  lemma ScheduleSleeper(s: State, t: Timer)
    requires Inv(s) && t in s.timers
    ensures t.time <= s.time ==> t.pcb !in Schedule(s).waiting && IsLive(Schedule(s), t.pcb)
    ensures t.time > s.time ==> t in Schedule(s).timers && t.pcb in Schedule(s).waiting
  {
    TimerKept(s.timers, s.time, t);
    ScheduleExact(s);
    WokenAre(s.timers, s.time);
    ScheduleKeeps(s);
    if t.time <= s.time {
      TimerOf(s.timers[..Elapsed(s.timers, s.time)], t);
      ScheduleWakes(s, t.pcb);
      DueWait(s, t.pcb);
      QuietSchedule(s);
      SameLive(s, Schedule(s));
    } else {
      TimerOf(Schedule(s).timers, t);
      TimerWaits(Schedule(s), t);
    }
  }

  lemma TimerWaits(s: State, t: Timer)
    requires TimersOk(s) && t.pcb in TimerPcbs(s.timers)
    ensures t.pcb in s.waiting
  {
    OccIn(TimerPcbs(s.timers), t.pcb);
    assert Occ(TimerPcbs(s.timers), t.pcb) == One(Asleep(s, t.pcb));
  }

  lemma {:induction false} InsertTimerIn(ts: seq<Timer>, t: Timer, u: Timer)
    ensures u in InsertTimer(ts, t) <==> u in ts || u == t
  {
    if ts != [] && t.time >= ts[0].time {
      InsertTimerIn(ts[1..], t, u);
      assert ts == [ts[0]] + ts[1..];
    }
  }

  /** Sleep arms a timer for its caller, which joins the waiting list, and runs the
      first ready process. */
  lemma SleepArms(s: State, cycles: int)
    requires DoSleep(s, cycles).mode == Active && s.freeTimers > 0
    ensures var s' := DoSleep(s, cycles);
            && Timer(s.time + cycles, s.running) in s'.timers && s'.waiting == s.waiting + [s.running]
            && s.ready != [] && s'.running == s.ready[0] && s'.time == s.time
  {
    var t := Timer(s.time + cycles, s.running);
    InsertTimerIn(s.timers, t, t);
  }

  lemma CallTimers(s: State, call: Call, t: Timer)
    requires Inv(s) && t in s.timers && call != Preempt && Dispatch(s, call).mode == Active
    ensures t in Dispatch(s, call).timers
  {
    if call.Sleep? {
      InsertTimerIn(s.timers, Timer(s.time + call.cycles, s.running), t);
    } else if call.Exit? {
      ExitTimers(s, call.value);
    }
  }

  /** No other call wakes a sleeper. */
  lemma CallSleeper(s: State, call: Call, t: Timer)
    requires Inv(s) && Me(s).call == call && t in s.timers && call != Preempt
    requires Dispatch(s, call).mode == Active
    ensures t in Dispatch(s, call).timers && t.pcb in Dispatch(s, call).waiting
  {
    CallTimers(s, call, t);
    TimerOf(Dispatch(s, call).timers, t);
    assert TimersOk(Dispatch(s, call)) by { DispatchKeeps(s, call); }
    TimerWaits(Dispatch(s, call), t);
  }

  lemma ExitTimers(s: State, value: int)
    requires Inv(s) && DoExit(s, value).mode == Active
    ensures DoExit(s, value).timers == s.timers
  {
    var p := Me(s).parent.value;
    RunningCanDie(s);
    if Answers(At(Die(s, value).pcbs, p), Me(s).pid) {
      AnsweredParent(s, value, p);
      HandOverTimers(s, value, p);
    }
  }

  /** Over any step a sleeping process sleeps on, unless the step schedules at or
      after its time: then it is ready or running. */
  lemma SleepsExactly(s: State, l: Label, t: Timer)
    requires Inv(s) && t in s.timers && Step(s, l).mode == Active
    ensures var s' := Step(s, l);
            if (l == Tick || l == Trap(Preempt)) && t.time <= s'.time
            then t.pcb !in s'.waiting && IsLive(s', t.pcb)
            else t in s'.timers && t.pcb in s'.waiting
  {
    match l {
      case Tick =>
        TimeAside(s);
        ScheduleSleeper(s.(time := s.time + 1), t);
        ScheduleTime(s.(time := s.time + 1));
      case Trap(call) =>
        RecordKeeps(s, call);
        Exclusive(s, s.running);
        if call == Preempt {
          ScheduleSleeper(Record(s, call), t);
          ScheduleTime(Record(s, call));
        } else {
          CallSleeper(Record(s, call), call, t);
        }
    }
  }

  lemma ScheduleTime(s: State)
    requires Inv(s)
    ensures Schedule(s).time == s.time
  {
    assert s.ready == [] + s.ready;
    WakeLoopFrom(s, [], s.ready);
  }

  // ----- Sleep, over runs -----

  lemma StepTime(s: State, l: Label)
    requires Inv(s)
    ensures Step(s, l).time == s.time + One(l == Tick)
  {
    match l {
      case Tick =>
        TimeAside(s);
        ScheduleTime(s.(time := s.time + 1));
      case Trap(call) =>
        RecordKeeps(s, call);
        CallTime(Record(s, call), call);
    }
  }

  lemma CallTime(s: State, call: Call)
    requires Inv(s)
    ensures Dispatch(s, call).time == s.time
  {
    if call == Preempt {
      ScheduleTime(s);
    }
  }

  lemma {:induction false} TimePasses(s: State, labels: seq<Label>)
    requires Inv(s) && Run(s, labels).mode == Active
    ensures Run(s, labels).time >= s.time
    decreases |labels|
  {
    if labels != [] {
      ActiveSoFar(s, labels);
      StepTime(s, labels[0]);
      TimePasses(Step(s, labels[0]), labels[1..]);
    }
  }

  lemma ActiveSoFar(s: State, labels: seq<Label>)
    requires Inv(s) && labels != [] && Run(s, labels).mode == Active
    ensures Inv(Step(s, labels[0])) && Run(Step(s, labels[0]), labels[1..]).mode == Active
  {
    if Step(s, labels[0]).mode != Active {
      HaltedRun(Step(s, labels[0]), labels[1..]);
    }
    StepKeeps(s, labels[0]);
  }

  /** A sleeper is still asleep in every state before its time, whatever happens. */
  lemma {:induction false} SleepsUntilDue(s: State, labels: seq<Label>, t: Timer)
    requires Inv(s) && t in s.timers && Run(s, labels).mode == Active && Run(s, labels).time < t.time
    ensures t in Run(s, labels).timers && t.pcb in Run(s, labels).waiting
    decreases |labels|
  {
    if labels == [] {
      TimerOf(s.timers, t);
      TimerWaits(s, t);
    } else {
      ActiveSoFar(s, labels);
      TimePasses(Step(s, labels[0]), labels[1..]);
      SleepsExactly(s, labels[0], t);
      SleepsUntilDue(Step(s, labels[0]), labels[1..], t);
    }
  }

  /** And it is no longer asleep in some state of any run that reaches its time,
      with the clock at that time; if that was past already, at the first tick or
      before. */
  lemma {:induction false} WakesWhenDue(s: State, labels: seq<Label>, t: Timer) returns (k: nat)
    requires Inv(s) && t in s.timers && Run(s, labels).mode == Active
    requires Run(s, labels).time >= t.time && Run(s, labels).time > s.time
    ensures k <= |labels| && t.pcb !in Run(s, labels[..k]).waiting && IsLive(Run(s, labels[..k]), t.pcb)
    ensures t.time > s.time ==> Run(s, labels[..k]).time == t.time
    ensures t.time <= s.time ==> Run(s, labels[..k]).time <= s.time + 1
    decreases |labels|
  {
    var s' := Step(s, labels[0]);
    ActiveSoFar(s, labels);
    StepTime(s, labels[0]);
    SleepsExactly(s, labels[0], t);
    if (labels[0] == Tick || labels[0] == Trap(Preempt)) && t.time <= s'.time {
      k := 1;
      assert labels[..1][1..] == [];
    } else {
      var rest := WakesWhenDue(s', labels[1..], t);
      k := rest + 1;
      assert labels[..k][1..] == labels[1..][..rest];
    }
  }

  // ----- Semaphores: who blocks, who wakes -----

  /** A wait blocks its caller exactly if the counter is not positive; then the
      first ready process runs. Otherwise the caller runs on with result 0. */
  lemma WaitOutcome(s: State, fd: int, m: Addr)
    requires Inv(s) && Target(s, fd) == Some(m) && DoSemWait(s, fd).mode == Active
    ensures var s' := DoSemWait(s, fd);
            && (s.running in s'.waiting <==> View(s.table, m).count <= 0)
            && (s.running in s'.waiting ==>
                s'.waiting == s.waiting + [s.running] && s.ready != [] && s'.running == s.ready[0]
                  && s'.ready == s.ready[1..])
            && (s.running !in s'.waiting ==>
                s'.waiting == s.waiting && s'.running == s.running && s'.ready == s.ready && Me(s').retvalue == 0)
  {
    Exclusive(s, s.running);
  }

  /** A post moves the process it releases, if any, from the waiting list to the
      end of the ready queue, and its caller runs on with result 0. */
  lemma PostOutcome(s: State, fd: int, m: Addr)
    requires Inv(s) && Target(s, fd) == Some(m)
    ensures var s' := DoSemPost(s, fd);
            && s'.running == s.running && Me(s').retvalue == 0
            && match CS.Released(View(s.table, m))
               case None => s'.ready == s.ready && s'.waiting == s.waiting
               case Some(p) =>
                 && p in s.waiting && s'.ready == s.ready + [p]
                 && p !in s'.waiting && At(s'.pcbs, p).status == Ready
  {
    var d := NamedDescriptor(s, fd);
    Exclusive(s, s.running);
    OwnersLength(s.table, SemAt(s.table, m).waiting);
    if CS.Released(View(s.table, m)).Some? {
      HeadWaits(s, m);
      var p := DescAt(s.table, SemAt(s.table, m).waiting[0]).pcb;
      Exclusive(s, p);
      OccDetach(s.waiting, p, p);
      OccIn(Detach(s.waiting, p), p);
    }
  }

  // ----- Semaphores: open and close -----

  /** The result of an open: the number of a descriptor of the semaphore asked
      for, or exactly the error for the pool that ran out. */
  lemma OpenCodes(s: State, semnum: int, value: int)
    requires Inv(s)
    ensures var s' := DoSemOpen(s, semnum, value);
            var known := BySemnum(s.table, Held(s, s.running), semnum).Some?;
            var listed := ById(s.table, s.table.list, semnum).Some?;
            && (Me(s').retvalue == ECREATESEM <==> !known && !listed && s.table.freeSems == [])
            && (Me(s').retvalue == ECREATEFD <==>
                !known && (listed || s.table.freeSems != []) && s.table.freeDescs == [])
            && (Me(s').retvalue == ECREATEPTR <==> RunsOutOfPointers(s, semnum))
            && (Me(s').retvalue >= 0 <==> known || Opens(s, semnum))
  {
    Exclusive(s, s.running);
    BySemnumFinds(s.table, Held(s, s.running), semnum);
    if BySemnum(s.table, Held(s, s.running), semnum).Some? {
      assert IsLive(s, s.running) && OwnedOk(s, s.running, BySemnum(s.table, Held(s, s.running), semnum).value);
    }
  }

  /** A successful open connects: the number returned acts on a listed semaphore
      with the id asked for. */
  lemma ConnectsOpened(s: State, semnum: int, value: int)
    requires Inv(s) && Me(DoSemOpen(s, semnum, value)).retvalue >= 0
    ensures var s' := DoSemOpen(s, semnum, value);
            var m := Target(s', Me(s').retvalue);
            m.Some? && m.value in s'.table.list && SemAt(s'.table, m.value).id == semnum
  {
    var s' := DoSemOpen(s, semnum, value);
    OpenCodes(s, semnum, value);
    SemOpenKeeps(s, semnum, value);
    if Opens(s, semnum) {
      ConnectsNew(s, semnum, value);
    } else {
      ConnectsOld(s, semnum, value);
    }
  }

  lemma ConnectsNew(s: State, semnum: int, value: int)
    requires Inv(s) && Opens(s, semnum)
    ensures var s' := DoSemOpen(s, semnum, value);
            var m := Target(s', Me(s').retvalue);
            m.Some? && m.value in s'.table.list && SemAt(s'.table, m.value).id == semnum
  {
    if ById(s.table, s.table.list, semnum).Some? {
      var m := ById(s.table, s.table.list, semnum).value;
      ListedOpenable(s, semnum);
      OpenedIs(s, semnum, m);
      OpenedTable(s, semnum, m);
    } else {
      var m := s.table.freeSems[0];
      CreatedOpenable(s, semnum, value);
      OpenedIs(s.(table := AllocSem(s.table, semnum, value)), semnum, m);
      OpenedTable(s.(table := AllocSem(s.table, semnum, value)), semnum, m);
    }
  }

  lemma ConnectsOld(s: State, semnum: int, value: int)
    requires Inv(s) && BySemnum(s.table, Held(s, s.running), semnum).Some?
    ensures var s' := DoSemOpen(s, semnum, value);
            var m := Target(s', Me(s').retvalue);
            m.Some? && m.value in s'.table.list && SemAt(s'.table, m.value).id == semnum
  {
    var d := BySemnum(s.table, Held(s, s.running), semnum).value;
    BySemnumFinds(s.table, Held(s, s.running), semnum);
    Exclusive(s, s.running);
    assert IsLive(s, s.running) && OwnedOk(s, s.running, d);
    OnlyByFd(s, d);
  }

  /** A process's descriptor is the one its number finds. */
  lemma OnlyByFd(s: State, d: Addr)
    requires HeldOk(s) && IsLive(s, s.running) && d in Held(s, s.running)
    ensures ByFd(s.table, Held(s, s.running), DescAt(s.table, d).fd) == Some(d)
  {
    ByFdFinds(s.table, Held(s, s.running), DescAt(s.table, d).fd);
  }
}
