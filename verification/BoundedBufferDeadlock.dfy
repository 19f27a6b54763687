/** Deadlock of the bounded buffer. The workers exit when semWait returns a
    value other than 0, and a semWait that blocked returns whatever was left in
    the caller's return-value field. So whether all work gets done depends on
    what these fields hold when the loops begin. */
module BoundedBufferDeadlock {
  import opened Lists
  import opened CountingSemaphore
  import opened BoundedBuffer
  import opened BoundedBufferProof
  import opened BoundedBufferLiveness

  // ----- Who can be stuck -----

  /** A side with a locked worker has no unlocked one. */
  lemma LockedSide(s: State, j: nat)
    requires j < |s.workers| && s.workers[j].locked && SectionOk(s, s.workers[j].role)
    ensures Total(Unlocked(s.workers[j].role), s.workers) == 0
  {
    var r := s.workers[j].role;
    var w := s.workers[j].(role := if r == Producer then Consumer else Producer);
    TotalUpdate(Of(r), s.workers, j, w);
    TotalUpdate(Unlocked(r), s.workers, j, w);
    TotalCompare(Unlocked(r), Of(r), s.workers[j := w]);
    TotalNonNegative(Unlocked(r), s.workers);
  }

  /** A mutex somebody waits for has a holder, and the holder can move. */
  lemma HolderCanMove(s: State, j: nat) returns (k: nat)
    requires Inv(s)
    requires j < |s.workers| && s.workers[j].on == Some(MutexOf(s.workers[j].role))
    ensures k < |s.workers| && Enabled(s.workers[k]) && InSection(s.workers[k])
            && s.workers[k].role == s.workers[j].role
  {
    var w := s.workers[j];
    assert WorkerOk(w);
    LockedSide(s, j);
    assert QueueOk(Get(s.sems, MutexOf(w.role)), MutexOf(w.role), s.workers);
    k := TotalWitness(Busy(w.role), s.workers);
    assert WorkerOk(s.workers[k]) && Enabled(s.workers[k]);
  }

  /** Nobody has given up. */
  ghost predicate Loyal(s: State) {
    forall i :: 0 <= i < |s.workers| ==> s.workers[i].pc != GivenUp
  }

  /** When nobody can move, whoever is unfinished and has not given up is queued
      on its slot semaphore. */
  lemma StuckOffMutexes(s: State, j: nat)
    requires Inv(s) && !SomeEnabled(s)
    requires j < |s.workers| && s.workers[j].pc != Finished && s.workers[j].pc != GivenUp
    ensures s.workers[j].on == Some(SlotOf(s.workers[j].role))
  {
    assert WorkerOk(s.workers[j]) && !Enabled(s.workers[j]);
    if s.workers[j].on == Some(MutexOf(s.workers[j].role)) {
      var k := HolderCanMove(s, j);
    }
  }

  lemma StuckNobodyInFlight(s: State)
    requires Inv(s) && Loyal(s) && !SomeEnabled(s)
    ensures Total(InFlight, s.workers) == 0
  {
    forall j | 0 <= j < |s.workers| ensures Weight(InFlight, s.workers[j]) == 0 {
      if s.workers[j].pc != Finished {
        StuckOffMutexes(s, j);
      }
    }
    TotalNonNegative(InFlight, s.workers);
  }

  /** A side none of whose workers is queued on its slot semaphore has done all
      its work. */
  lemma StuckSideFinished(s: State, r: Role)
    requires Inv(s) && Loyal(s) && !SomeEnabled(s) && Get(s.sems, SlotOf(r)).count >= 0
    ensures SideFinished(s, r)
  {
    assert QueueOk(Get(s.sems, SlotOf(r)), SlotOf(r), s.workers);
    forall j | 0 <= j < |s.workers| && s.workers[j].role == r ensures s.workers[j].pc == Finished {
      if s.workers[j].pc != Finished {
        StuckOffMutexes(s, j);
      }
    }
  }

  /** An unfinished worker leaves its side short of its work. */
  lemma WorkOutstanding(s: State, j: nat)
    requires WorkersOk(s.workers) && j < |s.workers| && s.workers[j].pc != Finished
    ensures Total(Posts(s.workers[j].role), s.workers) < Work(s, s.workers[j].role)
    ensures Total(Waits(s.workers[j].role), s.workers) <= Work(s, s.workers[j].role)
  {
    var w := s.workers[j];
    var done := s.workers[j := w.(left := 0, pc := Finished)];
    assert WorkerOk(w);
    forall k | 0 <= k < |s.workers|
      ensures Weight(Posts(w.role), done[k]) <= Weight(Quota(w.role), done[k])
      ensures Weight(Waits(w.role), s.workers[k]) <= Weight(Quota(w.role), s.workers[k])
    {
      assert WorkerOk(s.workers[k]);
    }
    TotalCompare(Posts(w.role), Quota(w.role), done);
    TotalCompare(Waits(w.role), Quota(w.role), s.workers);
    TotalUpdate(Posts(w.role), s.workers, j, w.(left := 0, pc := Finished));
    TotalUpdate(Quota(w.role), s.workers, j, w.(left := 0, pc := Finished));
  }

  /** A stuck producer: the buffer is full and the consumers are done. */
  lemma StuckProducer(s: State, j: nat)
    requires Inv(s) && Loyal(s) && !SomeEnabled(s)
    requires j < |s.workers| && s.workers[j].pc != Finished && s.workers[j].role == Producer
    ensures Work(s, Producer) > Work(s, Consumer) + |s.buf.cells|
  {
    StuckOffMutexes(s, j);
    assert QueueOk(Get(s.sems, Empty), Empty, s.workers);
    StuckNobodyInFlight(s);
    StuckSideFinished(s, Consumer);
    FinishedTotals(s, Consumer);
    WorkOutstanding(s, j);
  }

  /** A stuck consumer: the buffer is empty and the producers are done. */
  lemma StuckConsumer(s: State, j: nat)
    requires Inv(s) && Loyal(s) && !SomeEnabled(s)
    requires j < |s.workers| && s.workers[j].pc != Finished && s.workers[j].role == Consumer
    ensures Work(s, Consumer) > Work(s, Producer)
  {
    StuckOffMutexes(s, j);
    assert QueueOk(Get(s.sems, Fill), Fill, s.workers);
    StuckNobodyInFlight(s);
    StuckSideFinished(s, Producer);
    FinishedTotals(s, Producer);
    WorkOutstanding(s, j);
  }

  /** As long as nobody has given up, not every unfinished worker is blocked. */
  lemma DeadlockFree(s: State)
    requires Inv(s) && Loyal(s) && Fits(s)
    ensures AllFinished(s) || SomeEnabled(s)
  {
    if !AllFinished(s) && !SomeEnabled(s) {
      var j :| 0 <= j < |s.workers| && s.workers[j].pc != Finished;
      if s.workers[j].role == Producer {
        StuckProducer(s, j);
      } else {
        StuckConsumer(s, j);
      }
    }
  }

  // ----- Who can be misled -----

  /** The worker enters its loop with a return value other than 0 and can be made
      to block in its first wait, which is not going to change it: any consumer,
      since the buffer starts empty, and a producer if the others have enough
      work to fill the buffer before. */
  predicate Exposed(s: State, i: nat) {
    && i < |s.workers| && s.workers[i].quota > 0 && s.workers[i].ret != 0
    && (s.workers[i].role == Producer ==> Work(s, Producer) - s.workers[i].quota >= |s.buf.cells|)
  }

  /** Whoever still keeps a value other than 0 has not begun, and its first wait
      will not block. */
  ghost predicate Careful(s: State) {
    forall i :: 0 <= i < |s.workers| && s.workers[i].ret != 0 && s.workers[i].quota > 0 ==>
      s.workers[i].pc == WaitSlot && !Exposed(s, i)
  }

  lemma CarefulIsLoyal(s: State)
    requires WorkersOk(s.workers) && Careful(s)
    ensures Loyal(s)
  {
    forall i | 0 <= i < |s.workers| ensures s.workers[i].pc != GivenUp {
      assert WorkerOk(s.workers[i]);
    }
  }

  /** Before its first wait a worker has asked for nothing. */
  lemma OthersAsk(s: State, i: nat)
    requires WorkersOk(s.workers) && i < |s.workers|
    requires s.workers[i].pc == WaitSlot && s.workers[i].left == s.workers[i].quota
    ensures Total(Waits(s.workers[i].role), s.workers) <= Work(s, s.workers[i].role) - s.workers[i].quota
  {
    var r := s.workers[i].role;
    var w := s.workers[i].(quota := 0, left := 0, pc := Finished);
    var ws := s.workers[i := w];
    forall k | 0 <= k < |ws| ensures Weight(Waits(r), ws[k]) <= Weight(Quota(r), ws[k]) {
      assert WorkerOk(s.workers[k]);
    }
    TotalCompare(Waits(r), Quota(r), ws);
    TotalUpdate(Waits(r), s.workers, i, w);
    TotalUpdate(Quota(r), s.workers, i, w);
  }

  lemma PostsNonNegative(s: State, r: Role)
    requires WorkersOk(s.workers)
    ensures Total(Posts(r), s.workers) >= 0
  {
    forall k | 0 <= k < |s.workers| ensures Weight(Posts(r), s.workers[k]) >= 0 {
      assert WorkerOk(s.workers[k]);
    }
    TotalNonNegative(Posts(r), s.workers);
  }

  /** A producer that is not exposed finds a free place in its first wait. */
  lemma FirstWaitPasses(s: State, i: nat)
    requires Inv(s) && i < |s.workers| && s.workers[i].role == Producer && s.workers[i].pc == WaitSlot
    requires s.workers[i].left == s.workers[i].quota && Work(s, Producer) - s.workers[i].quota < |s.buf.cells|
    ensures s.sems.empty.count > 0
  {
    OthersAsk(s, i);
    PostsNonNegative(s, Consumer);
  }

  /** What a step leaves in a return-value field: the old value or 0. */
  lemma RetAfter(s: State, t: Turn, c: nat)
    requires |s.buf.cells| > 0 && c < |s.workers|
    ensures Step(s, t).workers[c].role == s.workers[c].role && Step(s, t).workers[c].quota == s.workers[c].quota
    ensures Step(s, t).workers[c].pid == s.workers[c].pid
    ensures Step(s, t).workers[c].ret == s.workers[c].ret || Step(s, t).workers[c].ret == 0
    ensures t.who != c ==> Step(s, t).workers[c].pc == s.workers[c].pc
  {
    ActRetAfter(s, t.who, c);
  }

  lemma ActRetAfter(s: State, i: nat, c: nat)
    requires |s.buf.cells| > 0 && c < |s.workers|
    ensures Act(s, i).workers[c].role == s.workers[c].role && Act(s, i).workers[c].quota == s.workers[c].quota
    ensures Act(s, i).workers[c].pid == s.workers[c].pid
    ensures Act(s, i).workers[c].ret == s.workers[c].ret || Act(s, i).workers[c].ret == 0
    ensures i != c ==> Act(s, i).workers[c].pc == s.workers[c].pc
  {
    if i != c {
      OthersKept(s, i, c);
    }
  }

  /** An unexposed worker's first wait clears its field. */
  lemma FirstWaitClears(s: State, i: nat)
    requires Inv(s) && i < |s.workers| && s.workers[i].pc == WaitSlot && s.workers[i].ret != 0 && !Exposed(s, i)
    ensures Enabled(s.workers[i]) && Act(s, i).workers[i].ret == 0
  {
    assert WorkerOk(s.workers[i]);
    FirstWaitPasses(s, i);
  }

  lemma StepKeepsCareful(s: State, t: Turn)
    requires Inv(s) && Careful(s)
    ensures Careful(Step(s, t))
  {
    var s' := Step(s, t);
    StepKeepsWork(s, t, Producer);
    forall i | 0 <= i < |s'.workers| && s'.workers[i].ret != 0 && s'.workers[i].quota > 0
      ensures s'.workers[i].pc == WaitSlot && !Exposed(s', i)
    {
      RetAfter(s, t, i);
      if t.who == i {
        FirstWaitClears(s, i);
      }
    }
  }

  lemma {:induction false} RunKeepsCareful(s: State, schedule: seq<Turn>)
    requires Inv(s) && Careful(s)
    ensures Inv(Exec(s, schedule)) && Careful(Exec(s, schedule))
    decreases |schedule|
  {
    if schedule != [] {
      StepKeepsInv(s, schedule[0]);
      StepKeepsCareful(s, schedule[0]);
      RunKeepsCareful(Step(s, schedule[0]), schedule[1..]);
    }
  }

  /** A worker about to block in semWait leaves another one able to run, so the
      kernel's no-process-can-run branch is not reached. */
  lemma NeverLastToBlock(s: State, i: nat)
    requires Inv(s) && Careful(s) && Fits(s) && Blocks(s, i)
    ensures exists j :: 0 <= j < |s.workers| && j != i && Enabled(s.workers[j])
  {
    var t := Turn(i, None);
    var s' := Step(s, t);
    assert s' == Act(s, i);
    StepKeepsInv(s, t);
    StepKeepsWork(s, t, Producer);
    StepKeepsWork(s, t, Consumer);
    StepKeepsCareful(s, t);
    CarefulIsLoyal(s');
    assert WorkerOk(s'.workers[i]);
    DeadlockFree(s');
    var j: nat :| j < |s'.workers| && Enabled(s'.workers[j]);
    OthersKept(s, i, j);
  }

  // ----- Misleading an exposed worker -----

  /** A first wait that blocks misleads a worker that keeps a value other than 0. */
  lemma BlockMisleads(s: State, t: Turn)
    requires |s.buf.cells| > 0 && t.who < |s.workers| && s.workers[t.who].on == None
    requires s.workers[t.who].pc == WaitSlot && s.workers[t.who].ret != 0
    requires Get(s.sems, SlotOf(s.workers[t.who].role)).count <= 0
    ensures Misled(Step(s, t).workers[t.who])
  {
    var after := Act(s, t.who);
    assert after == SemWait(s, t.who, SlotOf(s.workers[t.who].role), CheckSlot);
    assert !Enabled(after.workers[t.who]);
  }

  /** With a misled worker the work is never all done. */
  lemma MisledRun(s: State, t: Turn) returns (schedule: seq<Turn>)
    requires Inv(s) && SwitchesToWorker(s, t) && t.who < |s.workers| && Misled(Step(s, t).workers[t.who])
    ensures Undisturbed(s, schedule) && !SomeEnabled(Exec(s, schedule)) && !AllFinished(Exec(s, schedule))
  {
    StepKeepsInv(s, t);
    var rest := RunToRest(Step(s, t), t.who);
    ExecCons(s, t, rest);
    schedule := [t] + rest;
    assert schedule[1..] == rest;
    assert Misled(Exec(s, schedule).workers[t.who]);
  }

  lemma ConsumerMisled(s: State, length: nat, c: nat) returns (schedule: seq<Turn>)
    requires Initial(s, length) && Guarded(s.workers) && Exposed(s, c) && s.workers[c].role == Consumer
    ensures Undisturbed(s, schedule) && !SomeEnabled(Exec(s, schedule)) && !AllFinished(Exec(s, schedule))
  {
    InitialInv(s, length);
    var t := TurnOf(s, c);
    BlockMisleads(s, t);
    schedule := MisledRun(s, t);
  }

  /** The workers as they are once those in `out` have given up. */
  function Dropped(ws: seq<Worker>, out: set<nat>): seq<Worker> {
    seq(|ws|, i requires 0 <= i < |ws| => if i in out then ws[i].(pc := GivenUp) else ws[i])
  }

  /** While the buffer is filled up, a producer that is to be misled has not begun
      and a consumer that is to be misled is so already; no other consumer has
      begun, and nobody else is misled. */
  predicate Patient(w: Worker, chosen: bool) {
    if chosen then w.ret != 0 && (if w.role == Producer then w.pc == WaitSlot && w.on == None else Misled(w))
    else
      && (w.ret != 0 ==> w.pc == WaitSlot || w.pc == Finished)
      && (w.role == Consumer ==> w.left == w.quota && (w.pc == WaitSlot || w.pc == Finished))
  }

  /** The producers not in `out` are filling the buffer. */
  ghost predicate Filling(s: State, out: set<nat>) {
    && Inv(s) && s.sems.empty.count >= 0
    && Total(Stay(Producer), Dropped(s.workers, out)) >= |s.buf.cells|
    && forall k :: 0 <= k < |s.workers| ==> Patient(s.workers[k], k in out)
  }

  lemma TotalsWitness(m: Measure, ws: seq<Worker>, m': Measure, ws': seq<Worker>) returns (k: nat)
    requires |ws| == |ws'| && Total(m, ws) > Total(m', ws')
    ensures k < |ws| && Weight(m, ws[k]) > Weight(m', ws'[k])
  {
    if forall j :: 0 <= j < |ws| ==> Weight(m, ws[j]) <= Weight(m', ws'[j]) {
      TotalsCompare(m, ws, m', ws');
    }
    k :| 0 <= k < |ws| && Weight(m, ws[k]) > Weight(m', ws'[k]);
  }

  /** Among the other producers one has yet to ask for a place. */
  lemma SomeoneAsks(ws: seq<Worker>, out: set<nat>) returns (k: nat)
    requires WorkersOk(ws) && Total(Waits(Producer), ws) < Total(Stay(Producer), Dropped(ws, out))
    ensures k < |ws| && k !in out && ws[k].role == Producer
    ensures ws[k].pc != Finished && ws[k].pc != GivenUp
  {
    k := TotalsWitness(Stay(Producer), Dropped(ws, out), Waits(Producer), ws);
    assert WorkerOk(ws[k]);
  }

  lemma NothingConsumed(s: State, out: set<nat>)
    requires Filling(s, out)
    ensures s.sems.empty.count == |s.buf.cells| - Total(Waits(Producer), s.workers)
  {
    forall k | 0 <= k < |s.workers| ensures Weight(Posts(Consumer), s.workers[k]) == 0 {
      PatientConsumes(s.workers[k], k in out);
    }
    NonePosted(s.workers);
  }

  lemma PatientConsumes(w: Worker, chosen: bool)
    requires WorkerOk(w) && Patient(w, chosen)
    ensures Weight(Posts(Consumer), w) == 0
  {
  }

  lemma NonePosted(ws: seq<Worker>)
    requires forall k :: 0 <= k < |ws| ==> Weight(Posts(Consumer), ws[k]) == 0
    ensures Total(Posts(Consumer), ws) == 0
  {
    TotalNonNegative(Posts(Consumer), ws);
  }

  /** As long as there is room, one of the other producers can move. */
  lemma FillerCanMove(s: State, out: set<nat>) returns (k: nat)
    requires Filling(s, out) && s.sems.empty.count > 0
    ensures k < |s.workers| && k !in out && s.workers[k].role == Producer && Enabled(s.workers[k])
  {
    NothingConsumed(s, out);
    k := SomeoneAsks(s.workers, out);
    assert WorkerOk(s.workers[k]) && Patient(s.workers[k], false);
    assert QueueOk(Get(s.sems, Empty), Empty, s.workers);
    if s.workers[k].on.Some? {
      k := HolderCanMove(s, k);
      assert Patient(s.workers[k], k in out);
    }
  }

  /** A filler's turn, after which, should it block, the holder of the mutex runs. */
  lemma FillerTurn(s: State, out: set<nat>, k: nat) returns (t: Turn)
    requires Filling(s, out) && s.sems.empty.count > 0
    requires k < |s.workers| && k !in out && s.workers[k].role == Producer && Enabled(s.workers[k])
    ensures t.who == k && SwitchesToWorker(s, t) && (t.next.Some? ==> t.next.value !in out)
  {
    t := Turn(k, None);
    if Blocks(s, k) {
      var h := HolderAfter(s, k);
      t := Turn(k, Some(h));
      if h != k {
        OthersKept(s, k, h);
        assert Patient(s.workers[h], h in out);
      }
    }
  }

  lemma HolderAfter(s: State, k: nat) returns (h: nat)
    requires Inv(s) && s.sems.empty.count > 0 && Blocks(s, k) && s.workers[k].role == Producer
    ensures h < |Act(s, k).workers| && Enabled(Act(s, k).workers[h]) && InSection(Act(s, k).workers[h])
    ensures Act(s, k).workers[h].role == Producer
  {
    ActKeepsInv(s, k);
    assert WorkerOk(s.workers[k]);
    h := HolderCanMove(Act(s, k), k);
  }

  lemma FillerKeepsFilling(s: State, out: set<nat>, t: Turn)
    requires Filling(s, out) && s.sems.empty.count > 0 && (t.next.Some? ==> t.next.value !in out)
    requires t.who < |s.workers| && t.who !in out && s.workers[t.who].role == Producer && Enabled(s.workers[t.who])
    ensures Filling(Step(s, t), out)
  {
    StepKeepsInv(s, t);
    FillerTakes(s, t.who);
    FillerKeepsPatience(s, out, t);
    FillerKeepsStay(s, out, t);
  }

  lemma FillerKeepsPatience(s: State, out: set<nat>, t: Turn)
    requires Filling(s, out) && s.sems.empty.count > 0 && (t.next.Some? ==> t.next.value !in out)
    requires t.who < |s.workers| && t.who !in out && s.workers[t.who].role == Producer && Enabled(s.workers[t.who])
    requires |Step(s, t).workers| == |s.workers|
    ensures forall k :: 0 <= k < |s.workers| ==> Patient(Step(s, t).workers[k], k in out)
  {
    forall k | 0 <= k < |s.workers| ensures Patient(Step(s, t).workers[k], k in out) {
      FillerLeaves(s, out, t, k);
    }
  }

  lemma FillerKeepsStay(s: State, out: set<nat>, t: Turn)
    requires Filling(s, out) && s.sems.empty.count > 0 && (t.next.Some? ==> t.next.value !in out)
    requires t.who < |s.workers| && t.who !in out && s.workers[t.who].role == Producer && Enabled(s.workers[t.who])
    requires |Step(s, t).workers| == |s.workers| && WorkersOk(Step(s, t).workers)
    ensures Total(Stay(Producer), Dropped(Step(s, t).workers, out)) >= Total(Stay(Producer), Dropped(s.workers, out))
  {
    var ws, ws' := s.workers, Step(s, t).workers;
    forall k | 0 <= k < |ws|
      ensures Weight(Stay(Producer), Dropped(ws, out)[k]) <= Weight(Stay(Producer), Dropped(ws', out)[k])
    {
      FillerLeaves(s, out, t, k);
      StayKept(ws[k], ws'[k], k in out);
    }
    TotalsCompare(Stay(Producer), Dropped(ws, out), Stay(Producer), Dropped(ws', out));
  }

  lemma StayKept(w: Worker, w': Worker, chosen: bool)
    requires WorkerOk(w') && w'.role == w.role && w'.quota == w.quota && (!chosen ==> Patient(w', false))
    ensures Weight(Stay(Producer), if chosen then w.(pc := GivenUp) else w)
         <= Weight(Stay(Producer), if chosen then w'.(pc := GivenUp) else w')
  {
  }

  lemma FillerTakes(s: State, i: nat)
    requires |s.buf.cells| > 0 && i < |s.workers| && s.workers[i].role == Producer && s.sems.empty.count > 0
    ensures Act(s, i).sems.empty.count >= 0 && |Act(s, i).buf.cells| == |s.buf.cells|
            && |Act(s, i).workers| == |s.workers|
  {
  }

  lemma FillerLeaves(s: State, out: set<nat>, t: Turn, k: nat)
    requires Filling(s, out) && s.sems.empty.count > 0 && (t.next.Some? ==> t.next.value !in out)
    requires t.who < |s.workers| && t.who !in out && s.workers[t.who].role == Producer && Enabled(s.workers[t.who])
    requires k < |s.workers| && k < |Step(s, t).workers|
    ensures var w := Step(s, t).workers[k];
            && w.role == s.workers[k].role && w.quota == s.workers[k].quota && Patient(w, k in out)
  {
    RetAfter(s, t, k);
    assert Patient(s.workers[k], k in out);
    assert WorkerOk(s.workers[k]);
    if k != t.who {
      OthersPatient(s, t, k, k in out);
    } else {
      FillerPatient(s, t);
    }
  }

  lemma OthersPatient(s: State, t: Turn, k: nat, chosen: bool)
    requires |s.buf.cells| > 0 && k < |s.workers| && k != t.who
    requires Patient(s.workers[k], chosen) && (chosen ==> t.next != Some(k))
    ensures Patient(Step(s, t).workers[k], chosen)
  {
    OthersKept(s, t.who, k);
  }

  lemma FillerPatient(s: State, t: Turn)
    requires |s.buf.cells| > 0 && t.who < |s.workers| && WorkerOk(s.workers[t.who])
    requires s.workers[t.who].role == Producer && Enabled(s.workers[t.who]) && s.sems.empty.count > 0
    requires Patient(s.workers[t.who], false)
    ensures Patient(Step(s, t).workers[t.who], false)
  {
  }

  /** The other producers can fill the buffer before anybody else moves. */
  lemma {:induction false} FillUp(s: State, out: set<nat>) returns (schedule: seq<Turn>)
    requires Filling(s, out)
    ensures Undisturbed(s, schedule)
    ensures Filling(Exec(s, schedule), out) && Exec(s, schedule).sems.empty.count == 0
    decreases Total(StepsLeft, s.workers)
  {
    StepsNonNegative(s);
    schedule := [];
    if s.sems.empty.count > 0 {
      var k := FillerCanMove(s, out);
      var t := FillerTurn(s, out, k);
      FillerKeepsFilling(s, out, t);
      StepProgress(s, t);
      var rest := FillUp(Step(s, t), out);
      ExecCons(s, t, rest);
      schedule := [t] + rest;
      assert schedule[1..] == rest;
    }
  }

  lemma {:induction false} ExecAppend(s: State, first: seq<Turn>, rest: seq<Turn>)
    requires |s.buf.cells| > 0
    ensures Exec(s, first + rest) == Exec(Exec(s, first), rest)
    ensures Undisturbed(s, first) && Undisturbed(Exec(s, first), rest) ==> Undisturbed(s, first + rest)
    decreases |first|
  {
    if first == [] {
      assert first + rest == rest;
    } else {
      assert (first + rest)[1..] == first[1..] + rest;
      ExecAppend(Step(s, first[0]), first[1..], rest);
    }
  }

  lemma {:induction false} RunKeepsSides(s: State, schedule: seq<Turn>, c: nat)
    requires |s.buf.cells| > 0 && c < |s.workers|
    ensures Exec(s, schedule).workers[c].role == s.workers[c].role
            && Exec(s, schedule).workers[c].quota == s.workers[c].quota
    ensures Exec(s, schedule).workers[c].pid == s.workers[c].pid
    decreases |schedule|
  {
    if schedule != [] {
      RetAfter(s, schedule[0], c);
      RunKeepsSides(Step(s, schedule[0]), schedule[1..], c);
    }
  }

  /** Without an exposed producer the others can still fill the buffer. */
  lemma OneLess(ws: seq<Worker>, p: nat)
    requires p < |ws| && ws[p].role == Producer && forall k :: 0 <= k < |ws| ==> ws[k].pc != GivenUp
    ensures Total(Stay(Producer), Dropped(ws, {p})) >= Total(Quota(Producer), ws) - ws[p].quota
  {
    var w := ws[p].(pc := GivenUp);
    assert Dropped(ws, {p}) == ws[p := w];
    TotalUpdate(Stay(Producer), ws, p, w);
    TotalCompare(Quota(Producer), Stay(Producer), ws);
  }

  lemma FillWithout(s: State, length: nat, p: nat) returns (schedule: seq<Turn>)
    requires Initial(s, length) && Guarded(s.workers) && Exposed(s, p) && s.workers[p].role == Producer
    ensures var s' := Exec(s, schedule);
            && Undisturbed(s, schedule) && Inv(s') && s'.sems.empty.count == 0
            && s'.workers[p].role == Producer && Patient(s'.workers[p], true)
  {
    InitialInv(s, length);
    OneLess(s.workers, p);
    schedule := FillUp(s, {p});
    RunKeepsSides(s, schedule, p);
  }

  lemma ProducerMisled(s: State, length: nat, p: nat) returns (schedule: seq<Turn>)
    requires Initial(s, length) && Guarded(s.workers) && Exposed(s, p) && s.workers[p].role == Producer
    ensures Undisturbed(s, schedule) && !SomeEnabled(Exec(s, schedule)) && !AllFinished(Exec(s, schedule))
  {
    var first := FillWithout(s, length, p);
    var full := Exec(s, first);
    var t := TurnOf(full, p);
    BlockMisleads(full, t);
    var rest := MisledRun(full, t);
    ExecAppend(s, first, rest);
    schedule := first + rest;
  }

  // ----- Exactly when all work gets done -----

  /** What a caller can check before the loops begin: the iteration counts fit
      the buffer and nobody is exposed. In particular it is enough that every
      worker's return-value field holds 0. */
  ghost predicate Prepared(s: State) {
    Fits(s) && forall i: nat :: !Exposed(s, i)
  }

  /** Deadlock freedom: with prepared workers, no schedule makes anybody give up
      or leaves all the unfinished workers blocked. */
  lemma PreparedRuns(s: State, length: nat, schedule: seq<Turn>)
    requires Initial(s, length) && Guarded(s.workers) && Prepared(s)
    ensures Inv(Exec(s, schedule)) && Careful(Exec(s, schedule)) && Fits(Exec(s, schedule)) && Loyal(Exec(s, schedule))
    ensures AllFinished(Exec(s, schedule)) || SomeEnabled(Exec(s, schedule))
  {
    InitialInv(s, length);
    RunKeepsCareful(s, schedule);
    RunKeepsWork(s, schedule, Producer);
    RunKeepsWork(s, schedule, Consumer);
    CarefulIsLoyal(Exec(s, schedule));
    DeadlockFree(Exec(s, schedule));
  }

  lemma UnfitRun(s: State, length: nat) returns (schedule: seq<Turn>)
    requires Initial(s, length) && Guarded(s.workers) && !Fits(s)
    ensures Undisturbed(s, schedule) && !SomeEnabled(Exec(s, schedule)) && !AllFinished(Exec(s, schedule))
  {
    InitialInv(s, length);
    schedule := RunToRest(s, 0);
    RunKeepsInv(s, schedule);
    RunKeepsWork(s, schedule, Producer);
    RunKeepsWork(s, schedule, Consumer);
    if AllFinished(Exec(s, schedule)) {
      FinalState(Exec(s, schedule));
    }
  }

  /** The whole promise, exactly: from start-up, with every side either using
      its mutex or having one worker, no schedule comes to a point where some
      work is undone and nobody can do it, if and only if the workers are
      prepared. And a schedule that fails needs no process besides the workers. */
  lemma DeadlockFreeExactly(s: State, length: nat)
    requires Initial(s, length) && Guarded(s.workers)
    ensures Prepared(s) <==>
            forall schedule: seq<Turn> :: AllFinished(Exec(s, schedule)) || SomeEnabled(Exec(s, schedule))
    ensures Prepared(s) <==>
            forall schedule: seq<Turn> :: Undisturbed(s, schedule) ==>
              AllFinished(Exec(s, schedule)) || SomeEnabled(Exec(s, schedule))
  {
    if Prepared(s) {
      forall schedule: seq<Turn> ensures AllFinished(Exec(s, schedule)) || SomeEnabled(Exec(s, schedule)) {
        PreparedRuns(s, length, schedule);
      }
    } else {
      var schedule := FailingRun(s, length);
    }
  }

  lemma FailingRun(s: State, length: nat) returns (schedule: seq<Turn>)
    requires Initial(s, length) && Guarded(s.workers) && !Prepared(s)
    ensures Undisturbed(s, schedule) && !SomeEnabled(Exec(s, schedule)) && !AllFinished(Exec(s, schedule))
  {
    if !Fits(s) {
      schedule := UnfitRun(s, length);
    } else {
      var i: nat :| Exposed(s, i);
      if s.workers[i].role == Consumer {
        schedule := ConsumerMisled(s, length, i);
      } else {
        schedule := ProducerMisled(s, length, i);
      }
    }
  }
}
