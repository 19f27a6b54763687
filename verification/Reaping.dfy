/** Who is told of a death: over any run every completed wait hands the pid of a
    child, once, to the process in whose list of children it is. */
module Reaping {
  import opened Lists
  import opened KernelState
  import opened ProcessInvariants
  import opened KernelInvariants
  import opened KernelSteps
  import opened KernelBoot
  import opened ProcessTheorems
  import opened SystemCalls

  /** From `s` to `s'` the wait of process `d.to` completes with one of its own
      children, dead or just dying, whose block is then free; `d.to` runs and
      finds the child's pid as the result of its call. It gets the child's exit
      value exactly if the call it waits in asks for one. */
  ghost predicate ToHolder(s: State, s': State, d: Delivery) {
    && s'.running == d.to && At(s'.pcbs, d.to).retvalue == d.pid
    && CallOf(s', d.to).Wait? && d.pid in s'.exits
    && d.value == (if CallOf(s', d.to).result != 0 then Some(s'.exits[d.pid]) else None)
    && exists c :: Occupied(s, c) && c in Kids(s, d.to) && Pid(s, c) == d.pid
                   && (c in s.zombies || c == s.running) && c in s'.freePcbs
  }

  ghost predicate Delivers(s: State, s': State) {
    s'.delivered == s.delivered || exists d :: s'.delivered == s.delivered + [d] && ToHolder(s, s', d)
  }

  lemma WaitDelivers(s: State, pid: int, result: int)
    requires Inv(s)
    ensures Delivers(s, Step(s, Trap(Wait(pid, result))))
  {
    var s' := Step(s, Trap(Wait(pid, result)));
    WaitReports(s, pid, result);
    if Kids(s, s.running) != [] {
      var i: nat :| SettlesOn(s, pid, i) && HasWaited(s, pid, result, s', Kids(s, s.running)[i]);
      var kid := Kids(s, s.running)[i];
      if kid in s.zombies {
        ReapDelivers(s, Wait(pid, result), s', kid);
      }
    }
  }

  lemma ReapDelivers(s: State, call: Call, s': State, kid: Addr)
    requires Inv(s) && call.Wait? && kid in Kids(s, s.running) && kid in s.zombies && HasReaped(s, call, s', kid)
    ensures Delivers(s, s')
  {
    assert Occupied(s, kid);
    var d := Delivery(s.running, Pid(s, kid), if call.result != 0 then Some(s.exits[Pid(s, kid)]) else None);
    assert s'.delivered == s.delivered + [d] && ToHolder(s, s', d);
  }

  lemma ExitDelivers(s: State, value: int)
    requires Inv(s)
    ensures Delivers(s, Step(s, Trap(Exit(value))))
  {
    var s' := Step(s, Trap(Exit(value)));
    if s'.mode == Active {
      ExitReports(s, value);
      if exists p :: AwaitedBy(s, p) {
        var p :| AwaitedBy(s, p) && HasReported(s, value, s', p);
        Exclusive(s, s.running);
        assert Occupied(s, s.running);
        var d := Delivery(p, Pid(s, s.running), if CallOf(s, p).result != 0 then Some(value) else None);
        assert s'.delivered == s.delivered + [d] && ToHolder(s, s', d);
      }
    } else {
      FailedExitDelivers(Record(s, Exit(value)), value);
    }
  }

  lemma FailedExitDelivers(s: State, value: int)
    requires s.mode == Active && DoExit(s, value).mode != Active
    ensures DoExit(s, value).delivered == s.delivered
  {
  }

  /** Every step delivers nothing or one pid to the holder of that child. */
  lemma StepDelivers(s: State, l: Label)
    requires Inv(s)
    ensures Delivers(s, Step(s, l))
  {
    match l {
      case Tick => QuietSchedule(s.(time := s.time + 1));
      case Trap(call) =>
        match call {
          case Preempt => QuietSchedule(Record(s, call));
          case Fork =>
          case Spawn =>
          case Wait(pid, result) => WaitDelivers(s, pid, result);
          case Exit(value) => ExitDelivers(s, value);
          case _ => QuietCall(Record(s, call), call);
        }
    }
  }

  /** Entry `k` of the log was made by step `j` of the run. */
  ghost predicate MadeAt(s: State, labels: seq<Label>, k: nat, d: Delivery, j: nat) {
    j < |labels| &&
      var before := Run(s, labels[..j]);
      Inv(before) && |before.delivered| == k && ToHolder(before, Step(before, labels[j]), d)
  }

  /** Over any run, each entry of the log of completed waits was made by one step
      of the run, and went to the holder of the child there and then. */
  lemma {:induction false} DeliveredToHolder(s: State, labels: seq<Label>, k: nat) returns (j: nat)
    requires Inv(s) && |s.delivered| <= k < |Run(s, labels).delivered|
    ensures MadeAt(s, labels, k, Run(s, labels).delivered[k], j)
    decreases |labels|
  {
    assert labels != [];
    var s' := Step(s, labels[0]);
    var rest := labels[1..];
    StepDelivers(s, labels[0]);
    StepKeeps(s, labels[0]);
    assert Run(s, labels) == Run(s', rest);
    if |s'.delivered| > k {
      LogOfRun(s', rest);
      j := 0;
      DeliveredAt(s, s', k);
      assert Run(s, labels[..0]) == s;
    } else {
      if s'.mode != Active {
        HaltedRun(s', rest);
      }
      var i := DeliveredToHolder(s', rest, k);
      j := i + 1;
      MadeLater(s, labels, k, Run(s, labels).delivered[k], i);
    }
  }

  lemma MadeLater(s: State, labels: seq<Label>, k: nat, d: Delivery, i: nat)
    requires labels != [] && MadeAt(Step(s, labels[0]), labels[1..], k, d, i)
    ensures MadeAt(s, labels, k, d, i + 1)
  {
    assert labels[..i + 1][1..] == labels[1..][..i] && labels[..i + 1][0] == labels[0];
  }

  lemma DeliveredAt(s: State, s': State, k: nat)
    requires Delivers(s, s') && |s.delivered| <= k < |s'.delivered|
    ensures |s.delivered| == k && ToHolder(s, s', s'.delivered[k])
  {
  }

  /** What is in the log stays there. */
  lemma {:induction false} LogOfRun(s: State, labels: seq<Label>)
    requires s.mode == Active ==> Inv(s)
    ensures s.delivered <= Run(s, labels).delivered
    decreases |labels|
  {
    if s.mode != Active {
      HaltedRun(s, labels);
    } else if labels != [] {
      LogGrows(s, labels[0]);
      StepKeeps(s, labels[0]);
      LogOfRun(Step(s, labels[0]), labels[1..]);
    }
  }

  /** The whole promise for reaping, from start-up: no pid is delivered twice, a
      value delivered is the one that process exited with, and every delivery
      goes to the process holding the child at that moment, with the exit value
      exactly if that process asked for it. */
  lemma ExactlyOnceReaping(procs: nat, sems: nat, descs: nat, ptrs: nat, labels: seq<Label>)
    requires procs > 0 && Run(Boot(procs, sems, descs, ptrs), labels).mode == Active
    ensures var last := Run(Boot(procs, sems, descs, ptrs), labels);
            && (forall j, k :: 0 <= j < k < |last.delivered| ==> last.delivered[j].pid != last.delivered[k].pid)
            && (forall k :: 0 <= k < |last.delivered| && last.delivered[k].value.Some? ==>
                  last.delivered[k].pid in last.exits
                    && last.delivered[k].value.value == last.exits[last.delivered[k].pid])
            && forall k :: 0 <= k < |last.delivered| ==>
                 GoesToHolder(Boot(procs, sems, descs, ptrs), labels, last.delivered[k])
  {
    var s := Boot(procs, sems, descs, ptrs);
    assert Inv(s) by {
      Reachable(procs, sems, descs, ptrs, []);
    }
    ReapedOnce(s, labels);
    forall k | 0 <= k < |Run(s, labels).delivered| ensures GoesToHolder(s, labels, Run(s, labels).delivered[k]) {
      var j := DeliveredToHolder(s, labels, k);
      assert MadeAt(s, labels, k, Run(s, labels).delivered[k], j);
    }
  }

  ghost predicate GoesToHolder(s: State, labels: seq<Label>, d: Delivery) {
    exists k, j :: MadeAt(s, labels, k, d, j)
  }
}
